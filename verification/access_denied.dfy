/** The Access-Denied screen of components/pages/Auth/AccessDenied.tsx:
    which controls it shows for a given `portalUrl`, and what pressing each
    of them does. */
module AccessDeniedScreen {
  import opened Nullable
  import opened Effects
  import AuthGate

  /** The pressable controls of the screen. */
  datatype Control = RemediationButton(url: string) | SignOutLink

  /** How the identity provider's `signOut()` promise settled. */
  datatype SignOutResult = SignOutSucceeded | SignOutFailed

  const LogoutErrorTitle: string := "Erro"
  const LogoutErrorMessage: string := "Não foi possível sair da conta."

  /** The controls, top to bottom: "Regularizar Assinatura" when
      `portalUrl` is truthy, then the "Voltar para o início" link. */
  function Controls(portalUrl: Option<string>): (cs: seq<Control>)
    ensures SignOutLink in cs
    ensures forall u :: RemediationButton(u) in cs <==> Truthy(portalUrl) && u == portalUrl.value
  {
    (if Truthy(portalUrl) then [RemediationButton(portalUrl.value)] else []) + [SignOutLink]
  }

  /** `handleLogout`: sign out first; navigate to sign-in only once that
      succeeded, otherwise show an alert. Every failure is caught here. */
  function HandleLogout(result: SignOutResult): (actions: seq<Action>)
    ensures |actions| == 2 && actions[0] == CallSignOut
    ensures Navigations(actions) <= 1
    ensures Navigations(actions) == 1 <==> result == SignOutSucceeded
    ensures result == SignOutSucceeded ==> actions[1] == Navigate(Replace, SignInRoute)
    ensures result == SignOutFailed ==> actions[1] == ShowAlert(LogoutErrorTitle, LogoutErrorMessage)
  {
    match result
    case SignOutSucceeded => [CallSignOut, Navigate(Replace, SignInRoute)]
    case SignOutFailed => [CallSignOut, ShowAlert(LogoutErrorTitle, LogoutErrorMessage)]
  }

  /** Pressing a control. The sign-out result only matters for the link. */
  function Press(c: Control, result: SignOutResult): seq<Action>
  {
    match c
    case RemediationButton(url) => [OpenUrl(url)]
    case SignOutLink => HandleLogout(result)
  }

  /** The remediation button opens exactly the portal URL it was given and
      does nothing else. */
  lemma RemediationOpensPortalUrl(portalUrl: Option<string>, result: SignOutResult)
    requires Truthy(portalUrl)
    ensures exists c :: c in Controls(portalUrl) && Press(c, result) == [OpenUrl(portalUrl.value)]
    ensures forall c :: c in Controls(portalUrl) && c.RemediationButton? ==> Press(c, result) == [OpenUrl(portalUrl.value)]
  {
    assert Controls(portalUrl)[0] == RemediationButton(portalUrl.value);
  }

  /** Only the sign-out link navigates, at most once per press, and never
      before `signOut()` was called. */
  lemma OnlyLogoutNavigates(portalUrl: Option<string>, result: SignOutResult)
    ensures forall c :: c in Controls(portalUrl) ==> Navigations(Press(c, result)) <= 1
    ensures forall c :: c in Controls(portalUrl) && Navigations(Press(c, result)) == 1 ==>
      c == SignOutLink && result == SignOutSucceeded && Press(c, result)[0] == CallSignOut
  {
  }

  /** Inside the gate the remediation button shows exactly when the stored
      portal URL is non-null, since the gate never stores an empty one. */
  lemma GateRemediationIffPortalUrl(s: AuthGate.Session, t: seq<AuthGate.Event>)
    ensures var v := AuthGate.ViewOf(AuthGate.Run(AuthGate.Mount(s), t));
      v.AccessDenied? ==> (v.portalUrl.Some? <==> exists u :: RemediationButton(u) in Controls(v.portalUrl))
  {
    AuthGate.PortalUrlNeverEmpty(AuthGate.Mount(s), t);
    var v := AuthGate.ViewOf(AuthGate.Run(AuthGate.Mount(s), t));
    if v.AccessDenied? && v.portalUrl.Some? {
      assert RemediationButton(v.portalUrl.value) in Controls(v.portalUrl);
    }
  }

  /** A denied response with a checkout URL, for a signed-in user without a
      grant, leads to the Access-Denied view whose button opens that URL; a
      denied response without one leads to the view without the button. */
  lemma DeniedResponseOffersCheckout(g: AuthGate.Gate, id: nat, checkoutUrl: Option<string>)
    requires id in g.inFlight
    requires g.session == AuthGate.Session(true, true) && !g.state.accessGranted
    ensures var v := AuthGate.ViewOf(AuthGate.Step(g, AuthGate.CheckResolved(id, AuthGate.Denied(checkoutUrl))));
      && v.AccessDenied?
      && (Truthy(checkoutUrl) ==> Controls(v.portalUrl) == [RemediationButton(checkoutUrl.value), SignOutLink])
      && (!Truthy(checkoutUrl) ==> Controls(v.portalUrl) == [SignOutLink])
  {
  }
}
