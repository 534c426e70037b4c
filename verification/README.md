# Access gate of the lottapp mobile client, in Dafny

This project models the decision logic of the app's client:

- **Access gate.** It lets a user through to the map only when two things hold: the identity provider reports a signed-in session, and the backend's `/verificar-assinatura` check answers `acesso: true`.
- **Access-Denied screen.** Shown when the check says no. It offers a link to regularise the subscription, plus a way to sign out.
- **Payment bridge.** An embedded payment page that can send the literal message `"voltar"` to return to sign-in.
- **Profile screen helpers.** Avatar initials, labelling of connected accounts, the edit-mode toggle, profile submit and confirmed sign-out.

`PaymentBridge.RouteProps` models the payment route (`app/(auth)/webview-payment.tsx`, lines 6-12). That route hands the `url` search parameter to the bridge when it is a single string, and `""` otherwise.

Everything is written as immutable datatypes and pure total functions. Platform calls are not executed; they appear as emitted `Effects.Action` values: navigation (push or replace), opening a URL, an alert, calling `signOut`, and updating the profile. The identity provider's `isLoaded`/`isSignedIn` are inputs, with `isSignedIn` taken as a boolean (see the `AuthGate.Session` line under "## Left out"). How a token fetch and request end is also an input, `AuthGate.Outcome`: granted, denied with an optional `checkoutUrl`, or failed.

## How the gate is modelled

`AuthGate.Gate` holds the following:
- the session the gate last rendered with;
- its three React state values, `checkingAccess`, `acessoLiberado` (here `accessGranted`) and `portalUrl`;
- how many times the check effect has run;
- the run numbers of requests still in flight.

There are two kinds of event, and a trace is a sequence of them. `AuthGate.Step` applies one event and `AuthGate.Run` applies a trace, event by event.
- `SessionChanged(loaded, signedIn)`. React renders once with the new session and the old state. Then `AuthGate.Commit` runs the reset effect (`Reset`, keyed on `isSignedIn`) and the check effect (`RunCheck`, keyed on both values), in declaration order. Their updates are batched.
- `CheckResolved(run, outcome)`. `Step` applies one in-flight request's result through `Resolve`.

`Mount` is the initial state, followed by both effects. `SelectView` is the ordered `if` chain that picks one of Loading, the sign-in redirect, Access-Denied or the map redirect. `ViewOf` applies it to a gate.

The gate is modelled as the code is written:
- There is no stale-result guard.
- `checkingAccess` is never raised again after mount.
- A denial leaves `accessGranted` alone.

`GuardedGate` is a corrected gate with these defects removed. It is used only to state the intended properties listed under Findings.

Three points follow directly from the source lines:
- A failed token fetch or request only logs (AuthGate.tsx lines 43-44). The `finally` block (lines 45-46) then clears `checkingAccess`. So a failure leaves `accessGranted` and `portalUrl` as they were.
- No alert is shown for a failed check. The catch block holds only `console.error`.
- The comment at line 15 says the reset exists to avoid a stale flash after sign-out. Yet nothing discards a late answer (lines 38-42). Once the identity provider has loaded, line 53 shows Loading only while `checkingAccess` is true, and only line 11 sets it to true. These two gaps are the Findings below.

On the Access-Denied screen, `AccessDeniedScreen.Controls` lists the shown controls. `AccessDeniedScreen.Press` gives the actions of pressing one: the button opens its URL, and the link runs `HandleLogout`.

On the profile screen, `ProfileScreen.Row` builds one connected-account row from one classification of the provider string: icon, colour, label and subtitle. `ProfileScreen.EditIcon` is the pencil/close icon of the edit toggle.

## Model

| member | source | states |
|---|---|---|
| AuthGate.SelectView | components/pages/Auth/AuthGate.tsx:53-57 | Loading iff not loaded or checking; sign-in redirect iff loaded, not checking, signed out; Access-Denied (carrying `portalUrl`) iff loaded, not checking, signed in, not granted; map iff loaded, not checking, signed in and granted |
| AuthGate.RedirectAction | components/pages/Auth/AuthGate.tsx:54-57 | only the two redirect views navigate, by replace, to `/(auth)/sign-in` and `/(tabs)/map` |
| AuthGate.FirstRenderIsLoading | components/pages/Auth/AuthGate.tsx:11-13 | initial state is checking, not granted, no portal URL, so the first render is Loading for every session |
| AuthGate.ViewIgnoresPortalUrl | components/pages/Auth/AuthGate.tsx:53-57 | the selected view depends only on session, checking and granted; `portalUrl` is only passed through |
| AuthGate.Reset | components/pages/Auth/AuthGate.tsx:16-21 | signed out: grant and portal URL cleared, checking untouched; signed in: nothing changes |
| AuthGate.RunCheck | components/pages/Auth/AuthGate.tsx:23-36 | not loaded or signed out: only checking cleared, no request; otherwise one new request in flight and no state change |
| AuthGate.Resolve | components/pages/Auth/AuthGate.tsx:38-47 | every completion clears checking; granted sets the grant, keeps the portal URL; denied sets `checkoutUrl` or null if absent/empty, keeps the grant; failure keeps both |
| AuthGate.Mount | components/pages/Auth/AuthGate.tsx:11-51 | after mount, a loaded signed-in session has one request in flight with the initial state; any other session ends with state (false, false, null) and no request |
| AuthGate.LoadingOnlyWhilePending | components/pages/Auth/AuthGate.tsx:23-57 | on every trace from mount, once loaded the Loading view is shown only while some request is in flight |
| AuthGate.StepValid | components/pages/Auth/AuthGate.tsx:23-51 | every event keeps the invariant: checking implies a loaded signed-in session with a request in flight |
| AuthGate.RunValid | components/pages/Auth/AuthGate.tsx:23-51 | the invariant holds after any trace |
| AuthGate.CheckingNeverRaised | components/pages/Auth/AuthGate.tsx:26-46 | no event sets `checkingAccess` back to true |
| AuthGate.CheckingMonotone | components/pages/Auth/AuthGate.tsx:11-47 | once false, `checkingAccess` stays false over any trace |
| AuthGate.SignOutResets | components/pages/Auth/AuthGate.tsx:16-28 | a sign-out leaves state (false, false, null) and shows the sign-in redirect, or Loading if not loaded; the render before the effects, with the old state, is also one of those two |
| AuthGate.EveryCompletionApplies | components/pages/Auth/AuthGate.tsx:30-47 | the completion of any in-flight request, however old, is applied |
| AuthGate.GrantOnlyRevokedBySignOut | components/pages/Auth/AuthGate.tsx:16-42 | a grant survives every event except a transition to signed out |
| AuthGate.NoMapWithoutGrant | components/pages/Auth/AuthGate.tsx:38-57 | with no `acesso` true response in a trace, an ungranted gate stays ungranted and never selects the map |
| AuthGate.NoMapAfterSignOutUntilGrant | components/pages/Auth/AuthGate.tsx:15-57 | after a sign-out, the map is not selected again until an `acesso` true response arrives |
| AuthGate.DeniedKeepsEarlierGrant | components/pages/Auth/AuthGate.tsx:38-57 | a denied response to a loaded, signed-in gate that still holds a grant leaves the map selected |
| AuthGate.RedirectsFollowState | components/pages/Auth/AuthGate.tsx:38-57 | on every trace from mount, the map redirect happens only for a loaded, signed-in, granted gate and only if the trace contains an `acesso` true response; the sign-in redirect only for a loaded signed-out session |
| AuthGate.PortalUrlNeverEmpty | components/pages/Auth/AuthGate.tsx:16-42 | the gate never stores an empty portal URL |
| AuthGate.StaleGrantAfterSignOut | components/pages/Auth/AuthGate.tsx:23-51 | a grant answering a request from before sign-out lands while signed out, and the next user reaches the map although their own check was denied |
| AuthGate.DeniedWhileCheckPending | components/pages/Auth/AuthGate.tsx:23-57 | mounting before the identity provider loads, or mounting signed out, and then becoming loaded and signed in shows Access-Denied while the new check is in flight |
| GuardedGate.RunCheckGuarded | components/pages/Auth/AuthGate.tsx:23-36 | corrected check effect: checking is raised exactly when a request is issued |
| GuardedGate.StepGuardedValid | components/pages/Auth/AuthGate.tsx:16-51 | corrected gate keeps: checking iff the latest request is in flight; no grant or portal URL while signed out |
| GuardedGate.RunGuardedValid | components/pages/Auth/AuthGate.tsx:16-51 | the corrected invariant holds after any trace |
| GuardedGate.ResolveGuarded | components/pages/Auth/AuthGate.tsx:38-47 | corrected outcome: as written, except that a denial also clears the grant |
| GuardedGate.LatestAnswerDecidesView | components/pages/Auth/AuthGate.tsx:38-57 | when the latest check is answered, the corrected gate shows the map for a grant and Access-Denied with the checkout URL for a denial, whatever earlier answers said |
| GuardedGate.StaleResultIgnored | components/pages/Auth/AuthGate.tsx:38-47 | a completion that does not answer the latest check leaves the state and the session alone |
| GuardedGate.SignedOutNeverGranted | components/pages/Auth/AuthGate.tsx:15-21 | on every trace, a signed-out corrected gate holds no grant and no portal URL |
| GuardedGate.LoadingWhileLatestPending | components/pages/Auth/AuthGate.tsx:53 | the corrected gate shows Loading while the latest check is in flight |
| GuardedGate.CorrectedOnWitnessTraces | components/pages/Auth/AuthGate.tsx:53-57 | on the traces that expose the as-written gate, the corrected one shows Access-Denied after a late denial, and Loading right after sign-in both from a loaded signed-out start and from a cold (not-loaded) start |
| AccessDeniedScreen.Controls | components/pages/Auth/AccessDenied.tsx:49-62 | the sign-out link is always shown; a remediation button for `u` is shown iff `portalUrl` is non-empty and `u` is it |
| AccessDeniedScreen.HandleLogout | components/pages/Auth/AccessDenied.tsx:23-31 | sign-out is called first; it navigates by replace to sign-in iff sign-out succeeded, else shows the error alert; at most one navigation; the failure does not escape |
| AccessDeniedScreen.RemediationOpensPortalUrl | components/pages/Auth/AccessDenied.tsx:49-55 | with a non-empty portal URL, the screen has a button and every button opens exactly that URL |
| AccessDeniedScreen.OnlyLogoutNavigates | components/pages/Auth/AccessDenied.tsx:23-62 | every press navigates at most once, and only the link does so, after a successful sign-out |
| AccessDeniedScreen.GateRemediationIffPortalUrl | components/pages/Auth/AccessDenied.tsx:49-55 | within the gate, the Access-Denied view shows the button iff its portal URL is non-null |
| AccessDeniedScreen.DeniedResponseOffersCheckout | components/pages/Auth/AuthGate.tsx:38-56 | for a loaded, signed-in gate that holds no grant, a denied response leads to Access-Denied, with a button for `checkoutUrl` when it is non-empty and only the link otherwise |
| PaymentBridge.EmbeddedPageIsUrlParam | components/pages/WebViewPayment.tsx:31 | the web view loads exactly the route's `url` parameter, or `""` when it is not one string |
| PaymentBridge.HandleMessage | components/pages/WebViewPayment.tsx:22-26 | `"voltar"` yields exactly one push to `/(auth)/sign-in`; any other string yields nothing |
| PaymentBridge.NavigatesIffBack | components/pages/WebViewPayment.tsx:25 | one navigation for `"voltar"`, none otherwise |
| PaymentBridge.HandlerIgnoresProps | components/pages/WebViewPayment.tsx:14-26 | the handler's result does not depend on `url` or `onSignIn` |
| PaymentBridge.NearMissesIgnored | components/pages/WebViewPayment.tsx:25 | `""`, `"Voltar"`, `" voltar"`, `"voltar "` and a JSON text holding the word cause no navigation |
| PaymentBridge.HandleAll | components/pages/WebViewPayment.tsx:22-26 | over a stream of messages, navigations equal the number of `"voltar"` messages |
| Text.Contains | components/pages/ProfileScreen.tsx:231-233 | `includes` holds iff some window of the string equals the needle |
| Text.Upper | components/pages/ProfileScreen.tsx:87 | upper-casing keeps the length and maps each character through ASCII upper-case |
| ProfileScreen.Initial | components/pages/ProfileScreen.tsx:85-86 | a non-empty name contributes its first character, a missing or empty one contributes `""` |
| ProfileScreen.Initials | components/pages/ProfileScreen.tsx:83-88 | `""` without a user; otherwise at most two characters, none of them a lower-case ASCII letter |
| ProfileScreen.InitialsFromNames | components/pages/ProfileScreen.tsx:83-88 | one upper-cased letter per present non-empty name, first name first; an empty name is the same as a missing one |
| ProfileScreen.Classify | components/pages/ProfileScreen.tsx:231-233 | Google iff it contains "google"; GitHub iff "github" and not "google"; Apple iff "apple" and neither of those |
| ProfileScreen.ConnectedAccounts | components/pages/ProfileScreen.tsx:223-229 | the card shows only for a non-empty account list, one row per account in order |
| ProfileScreen.RowBySubstrings | components/pages/ProfileScreen.tsx:229-274 | each combination of matched substrings gives its icon, colour and label, with the raw string and generic icon otherwise; the subtitle is the email or "Connected" |
| ProfileScreen.RowConsistent | components/pages/ProfileScreen.tsx:241-270 | icon and colour determine each other and a brand icon comes with that brand's label |
| ProfileScreen.GoogleTakesPrecedence | components/pages/ProfileScreen.tsx:231-270 | a provider containing "google" is Google even when it also contains "github" and "apple" |
| ProfileScreen.MissingProvider | components/pages/ProfileScreen.tsx:230-270 | a missing provider gives an empty label, `link-outline` and the grey colour |
| ProfileScreen.ToggleEdit | components/pages/ProfileScreen.tsx:130-139 | the toggle flips edit mode; leaving resets the fields to the user's names; entering keeps them |
| ProfileScreen.CancelDiscardsEdits | components/pages/ProfileScreen.tsx:130-139 | entering edit mode, typing and leaving again discards what was typed |
| ProfileScreen.OnSubmit | components/pages/ProfileScreen.tsx:64-81 | no user: nothing changes; else loading while updating, loading off after, success leaves edit mode, failure keeps it, one alert each, no navigation |
| ProfileScreen.AfterConfirmation | components/pages/ProfileScreen.tsx:48-60 | cancel adds nothing; confirm calls sign-out, then navigates to `/sign-in` iff it succeeded; never alerts |
| ProfileScreen.HandleSignOut | components/pages/ProfileScreen.tsx:43-62 | every press first shows the "Sign Out" confirmation; cancel does nothing more; confirm calls sign-out and navigates to `/sign-in` iff it succeeded; no alert after the choice, so a failed sign-out is only logged |
| ProfileScreen.ToggleFlipsIcon | components/pages/ProfileScreen.tsx:130-147 | the toggle shows "close" exactly while editing, and each press flips the icon |

## Findings

| source | as written | input that shows it | evidently intended | confidence | as-written member | corrected member |
|---|---|---|---|---|---|---|
| components/pages/Auth/AuthGate.tsx:23-51 | every completed check writes state, however old its request; a denial does not clear an earlier grant | mount signed in (request 1), sign out, request 1 answers `acesso: true`, sign in (request 3), request 3 answers `acesso: false`: the map is selected | only the latest check commits, so a sign-out's reset (lines 15-21) cannot be undone by a late answer | medium: needs the gate to stay mounted across the session change; not executed | AuthGate.StaleGrantAfterSignOut | GuardedGate.LatestAnswerDecidesView |
| components/pages/Auth/AuthGate.tsx:23-36 | a check that sends a request does not set `checkingAccess` to true | cold start of a signed-in user: mount before the identity provider loads (line 26 clears `checkingAccess` while line 53 still shows Loading), then it loads signed in: Access-Denied is shown while the check is in flight | Loading while any check is in flight, as on first mount (line 11) | high: needs no remount; not executed | AuthGate.DeniedWhileCheckPending | GuardedGate.LoadingWhileLatestPending |

The as-written members model the code as it runs. The corrected members belong to `GuardedGate`, which differs in three ways:
- The check effect raises `checkingAccess` when it sends a request.
- Only the completion of the latest run is applied.
- A denial clears an earlier grant.

`GuardedGate.SignedOutNeverGranted` and `GuardedGate.StaleResultIgnored` also back the first row: no grant survives a sign-out, and a superseded answer changes nothing.

All other gate properties above are stated of the as-written gate.

## Left out

- Identity provider internals are not modelled: `getToken`, `signOut` and the session lifecycle. Only their outcomes are inputs. A `null` token is not distinguished: the request then goes out as `Bearer null` and its answer or failure is the outcome.
- The HTTP client, the endpoint and JSON parsing are not modelled. The `api` client is not part of this model. A response without a truthy `acesso` is a denial (`Denied`), and so is a body the client returns unparsed, as a string. A rejected request, a failed token fetch or a `null` body is `Failed`.
- `AuthGate.Session`: `Session(false, _)` stands for the not-loaded state, in which the identity provider reports `isSignedIn` as `undefined`. A change between `undefined` and a boolean makes React run the reset effect again; the model does not do that. The model matches the code on every trace where `isLoaded` never returns to false once it is true.
- Real concurrency is not modelled. Asynchronous completions are events interleaved in one sequential trace. A completion for a request that is not in flight is ignored, since a promise settles once.
- Mounting and unmounting of the gate by the router are not modelled. The gate is assumed to stay mounted. The route tree that hosts it is not part of this model.
- `console.error` logging is not modelled. It has no effect on state.
- Rendering is not modelled: `AuthLoading`, the WebView, `Linking.openURL`, `Alert` layout and router mechanics. The model keeps only the emitted actions.
- ProfileScreen.Initials: upper-cases only ASCII letters. JavaScript's `toUpperCase` also maps other letters, and may lengthen a string (`ß` becomes `SS`).
- ProfileScreen.Initial: takes the first Unicode scalar value. JavaScript's `[0]` takes the first UTF-16 code unit, which differs outside the Basic Multilingual Plane.
- Profile text that is only displayed is not modelled: the full name, email, avatar image, "Member Since" date via `toLocaleDateString`, and the settings rows.
- The profile screen's own loading view is not modelled: a single `isLoaded` check.
- Form validation is not modelled. It is the `required` rules interpreted by react-hook-form. `OnSubmit` receives the data that passed validation.
- The sign-in and sign-up screens, the UI components (Button, Input, SocialButton), the layouts and the map screen are left out. They are SDK call sequences or presentation.
- The `onSignIn` prop of the payment bridge is recorded but never called. The component never calls it either.
