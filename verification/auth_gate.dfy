/** The access gate of components/pages/Auth/AuthGate.tsx, as written.

    The gate holds three pieces of React state (`checkingAccess`,
    `acessoLiberado`, `portalUrl`) and reacts to two kinds of input: the
    identity provider's `isLoaded`/`isSignedIn` changing, and an entitlement
    request completing. After a session change React renders once with the
    new session and the old state, then runs the two effects in declaration
    order (the reset effect keyed on `isSignedIn`, then the check effect
    keyed on `isLoaded` and `isSignedIn`), and batches their state updates.
    A check that finds the user loaded and signed in leaves a request in
    flight; its completion is a later, separate event.

    Requests are tagged with the number of the check-effect run that issued
    them. The gate itself keeps no such tag: it applies every completion,
    however old. */
module AuthGate {
  import opened Nullable
  import opened Effects

  /** What `useAuth()` reports. */
  datatype Session = Session(isLoaded: bool, isSignedIn: bool)

  /** The gate's React state; `accessGranted` is `acessoLiberado`. */
  datatype GateState = GateState(checkingAccess: bool, accessGranted: bool, portalUrl: Option<string>)

  /** How one entitlement request ended: a response with `acesso` true, a
      response with `acesso` false and the raw `checkoutUrl` field (absent is
      `None`), or a failed token fetch, request or response parse. */
  datatype Outcome = Granted | Denied(checkoutUrl: Option<string>) | Failed

  datatype Event =
    | SessionChanged(loaded: bool, signedIn: bool)
    | CheckResolved(request: nat, outcome: Outcome)

  /** The four things the gate can render. */
  datatype View = Loading | SignInRedirect | AccessDenied(portalUrl: Option<string>) | MapRedirect

  /** The gate between events: the session it last rendered with, its
      state, how many times the check effect has run, and the run numbers of
      the requests still awaiting a response. */
  datatype Gate = Gate(session: Session, state: GateState, checkRuns: nat, inFlight: set<nat>)

  /** The `useState` initial values. */
  const InitialState: GateState := GateState(true, false, None)

  /** The ordered chain of `if`s that picks the view. */
  function SelectView(s: Session, st: GateState): (v: View)
    ensures v == Loading <==> !s.isLoaded || st.checkingAccess
    ensures v == SignInRedirect <==> s.isLoaded && !st.checkingAccess && !s.isSignedIn
    ensures v.AccessDenied? <==> s.isLoaded && !st.checkingAccess && s.isSignedIn && !st.accessGranted
    ensures v.AccessDenied? ==> v.portalUrl == st.portalUrl
    ensures v == MapRedirect <==> s.isLoaded && !st.checkingAccess && s.isSignedIn && st.accessGranted
  {
    if !s.isLoaded || st.checkingAccess then Loading
    else if !s.isSignedIn then SignInRedirect
    else if s.isSignedIn && !st.accessGranted && !st.checkingAccess then AccessDenied(st.portalUrl)
    else MapRedirect
  }

  /** The route a redirecting view navigates to (with replace semantics). */
  function RedirectAction(v: View): (r: Option<Action>)
    ensures r.Some? <==> v == SignInRedirect || v == MapRedirect
    ensures v == SignInRedirect ==> r == Some(Navigate(Replace, SignInRoute))
    ensures v == MapRedirect ==> r == Some(Navigate(Replace, MapRoute))
  {
    match v
    case SignInRedirect => Some(Navigate(Replace, SignInRoute))
    case MapRedirect => Some(Navigate(Replace, MapRoute))
    case _ => None
  }

  function ViewOf(g: Gate): View
  {
    SelectView(g.session, g.state)
  }

  /** The reset effect: on a signed-out session, clear the grant and the
      portal URL; `checkingAccess` is not touched. */
  function Reset(st: GateState, signedIn: bool): (r: GateState)
    ensures !signedIn ==> !r.accessGranted && r.portalUrl == None
    ensures r.checkingAccess == st.checkingAccess
    ensures signedIn ==> r == st
  {
    if !signedIn then st.(accessGranted := false, portalUrl := None) else st
  }

  /** The check effect (`verificarAcesso`): when not loaded or not signed in
      it only clears `checkingAccess`; otherwise it issues a request tagged
      with this run's number and changes nothing yet. */
  function RunCheck(g: Gate): (r: Gate)
    ensures r.checkRuns == g.checkRuns + 1 && r.session == g.session
    ensures !g.session.isLoaded || !g.session.isSignedIn ==>
      r.state == g.state.(checkingAccess := false) && r.inFlight == g.inFlight
    ensures g.session.isLoaded && g.session.isSignedIn ==>
      r.state == g.state && r.inFlight == g.inFlight + {r.checkRuns}
  {
    var run := g.checkRuns + 1;
    if !g.session.isLoaded || !g.session.isSignedIn then
      g.(state := g.state.(checkingAccess := false), checkRuns := run)
    else
      g.(checkRuns := run, inFlight := g.inFlight + {run})
  }

  /** Applying a completed request (the body of the `try`, then `finally`). */
  function Resolve(st: GateState, o: Outcome): (r: GateState)
    ensures !r.checkingAccess
    ensures o.Granted? ==> r.accessGranted && r.portalUrl == st.portalUrl
    ensures o.Denied? ==> r.accessGranted == st.accessGranted
    ensures o.Denied? && Truthy(o.checkoutUrl) ==> r.portalUrl == o.checkoutUrl
    ensures o.Denied? && !Truthy(o.checkoutUrl) ==> r.portalUrl == None
    ensures o.Failed? ==> r.accessGranted == st.accessGranted && r.portalUrl == st.portalUrl
  {
    var st' := match o
      case Granted => st.(accessGranted := true)
      case Denied(url) => st.(portalUrl := OrNull(url))
      case Failed => st;
    st'.(checkingAccess := false)
  }

  /** The effects that follow a render with session `s`. */
  function Commit(g: Gate, s: Session, resetFires: bool, checkFires: bool): Gate
  {
    var g' := g.(session := s, state := if resetFires then Reset(g.state, s.isSignedIn) else g.state);
    if checkFires then RunCheck(g') else g'
  }

  /** Mounting the gate: the initial state, then both effects. */
  function Mount(s: Session): (g: Gate)
    ensures g.session == s && g.checkRuns == 1
    ensures s.isLoaded && s.isSignedIn ==> g.state == InitialState && g.inFlight == {1}
    ensures !(s.isLoaded && s.isSignedIn) ==> g.state == GateState(false, false, None) && g.inFlight == {}
  {
    Commit(Gate(s, InitialState, 0, {}), s, true, true)
  }

  /** One event. A completion for a request that is not in flight is
      ignored; any in-flight request's completion is applied. */
  function Step(g: Gate, e: Event): Gate
  {
    match e
    case SessionChanged(l, si) =>
      var s := Session(l, si);
      Commit(g, s, si != g.session.isSignedIn, s != g.session)
    case CheckResolved(id, o) =>
      if id in g.inFlight then g.(state := Resolve(g.state, o), inFlight := g.inFlight - {id})
      else g
  }

  function Run(g: Gate, t: seq<Event>): Gate
    decreases |t|
  {
    if t == [] then g else Run(Step(g, t[0]), t[1..])
  }

  /** What the gate keeps true between events. */
  ghost predicate Valid(g: Gate)
  {
    && (forall id :: id in g.inFlight ==> 1 <= id <= g.checkRuns)
    && (g.state.checkingAccess ==> g.session == Session(true, true) && g.inFlight != {})
  }

  predicate IsGrant(e: Event)
  {
    e.CheckResolved? && e.outcome.Granted?
  }

  // ---------------------------------------------------------------- lemmas

  /** The first render happens before any effect, so it is the Loading view
      whatever the session says. */
  lemma FirstRenderIsLoading(s: Session)
    ensures InitialState.checkingAccess && !InitialState.accessGranted && InitialState.portalUrl == None
    ensures SelectView(s, InitialState) == Loading
  {
  }

  /** The view depends on the session, `checkingAccess` and `accessGranted`
      only; `portalUrl` is merely handed to the Access-Denied view. */
  lemma ViewIgnoresPortalUrl(s: Session, st1: GateState, st2: GateState)
    requires st1.checkingAccess == st2.checkingAccess && st1.accessGranted == st2.accessGranted
    ensures SelectView(s, st1).AccessDenied? == SelectView(s, st2).AccessDenied?
    ensures !SelectView(s, st1).AccessDenied? ==> SelectView(s, st1) == SelectView(s, st2)
  {
  }

  lemma MountValid(s: Session)
    ensures Valid(Mount(s))
  {
  }

  lemma StepValid(g: Gate, e: Event)
    requires Valid(g)
    ensures Valid(Step(g, e))
  {
  }

  lemma {:induction false} RunValid(g: Gate, t: seq<Event>)
    requires Valid(g)
    ensures Valid(Run(g, t))
    decreases |t|
  {
    if t != [] {
      StepValid(g, t[0]);
      RunValid(Step(g, t[0]), t[1..]);
    }
  }

  /** Once the identity provider has loaded, the gate shows Loading only
      while a request is actually in flight. */
  lemma LoadingOnlyWhilePending(s: Session, t: seq<Event>)
    ensures var g := Run(Mount(s), t);
      ViewOf(g) == Loading && g.session.isLoaded ==> g.inFlight != {}
  {
    MountValid(s);
    RunValid(Mount(s), t);
  }

  /** No event sets `checkingAccess` back to true. */
  lemma CheckingNeverRaised(g: Gate, e: Event)
    ensures !g.state.checkingAccess ==> !Step(g, e).state.checkingAccess
  {
  }

  lemma {:induction false} CheckingMonotone(g: Gate, t: seq<Event>)
    requires !g.state.checkingAccess
    ensures !Run(g, t).state.checkingAccess
    decreases |t|
  {
    if t != [] {
      CheckingNeverRaised(g, t[0]);
      CheckingMonotone(Step(g, t[0]), t[1..]);
    }
  }

  /** Signing out clears the grant and the portal URL and ends any check,
      so the next view is the sign-in redirect (or Loading while the
      provider is not loaded). Even the render that precedes the effects,
      with the old state, shows neither the map nor Access-Denied. */
  lemma SignOutResets(g: Gate, loaded: bool)
    requires g.session.isSignedIn
    ensures var v := SelectView(Session(loaded, false), g.state); v == Loading || v == SignInRedirect
    ensures Step(g, SessionChanged(loaded, false)).state == GateState(false, false, None)
    ensures ViewOf(Step(g, SessionChanged(loaded, false))) == (if loaded then SignInRedirect else Loading)
  {
  }

  /** The gate has no stale-result guard: a completion of any in-flight
      request, however old, is applied. */
  lemma EveryCompletionApplies(g: Gate, id: nat, o: Outcome)
    requires id in g.inFlight
    ensures Step(g, CheckResolved(id, o)).state == Resolve(g.state, o)
    ensures Step(g, CheckResolved(id, o)).inFlight == g.inFlight - {id}
  {
  }

  /** Only a sign-out clears a grant: a denial or failure leaves it. */
  lemma GrantOnlyRevokedBySignOut(g: Gate, e: Event)
    requires g.state.accessGranted
    requires !(e.SessionChanged? && !e.signedIn && g.session.isSignedIn)
    ensures Step(g, e).state.accessGranted
  {
  }

  /** Without an `acesso` true response, a gate without a grant never gets
      one and never selects the map. */
  lemma {:induction false} NoMapWithoutGrant(g: Gate, t: seq<Event>)
    requires !g.state.accessGranted
    requires forall i :: 0 <= i < |t| ==> !IsGrant(t[i])
    ensures !Run(g, t).state.accessGranted
    ensures ViewOf(Run(g, t)) != MapRedirect
    decreases |t|
  {
    if t != [] {
      NoMapWithoutGrant(Step(g, t[0]), t[1..]);
    }
  }

  /** After a sign-out, the map cannot be selected again until an `acesso`
      true response arrives. */
  lemma NoMapAfterSignOutUntilGrant(g: Gate, loaded: bool, t: seq<Event>)
    requires g.session.isSignedIn
    requires forall i :: 0 <= i < |t| ==> !IsGrant(t[i])
    ensures ViewOf(Run(Step(g, SessionChanged(loaded, false)), t)) != MapRedirect
  {
    SignOutResets(g, loaded);
    NoMapWithoutGrant(Step(g, SessionChanged(loaded, false)), t);
  }

  /** As written, a denial answering a gate that still holds a grant
      leaves the map selected: line-41's write touches only the URL. */
  lemma DeniedKeepsEarlierGrant(g: Gate, id: nat, checkoutUrl: Option<string>)
    requires id in g.inFlight
    requires g.session == Session(true, true) && g.state.accessGranted
    ensures ViewOf(Step(g, CheckResolved(id, Denied(checkoutUrl)))) == MapRedirect
  {
  }

  /** Starting from mount, the gate navigates to the map only for a
      loaded, signed-in session holding a grant, and only after some
      `acesso` true response has arrived; it navigates to sign-in only for a
      loaded, signed-out session. */
  lemma RedirectsFollowState(s: Session, t: seq<Event>)
    ensures var g := Run(Mount(s), t);
      RedirectAction(ViewOf(g)) == Some(Navigate(Replace, MapRoute)) ==>
        g.state.accessGranted && g.session == Session(true, true) && exists i :: 0 <= i < |t| && IsGrant(t[i])
    ensures var g := Run(Mount(s), t);
      RedirectAction(ViewOf(g)) == Some(Navigate(Replace, SignInRoute)) ==>
        g.session.isLoaded && !g.session.isSignedIn
  {
    if forall i :: 0 <= i < |t| ==> !IsGrant(t[i]) {
      NoMapWithoutGrant(Mount(s), t);
    }
  }

  /** The gate never stores an empty portal URL: both writers store
      `null` or a non-empty string. */
  lemma {:induction false} PortalUrlNeverEmpty(g: Gate, t: seq<Event>)
    requires g.state.portalUrl.Some? ==> Truthy(g.state.portalUrl)
    ensures var p := Run(g, t).state.portalUrl; p.Some? ==> Truthy(p)
    decreases |t|
  {
    if t != [] {
      PortalUrlNeverEmpty(Step(g, t[0]), t[1..]);
    }
  }

  /** As written, a response to a request issued before a sign-out still
      writes state: the grant lands while nobody is signed in, and the next
      user to sign in is sent to the map even though their own check says
      access is denied. */
  lemma StaleGrantAfterSignOut()
    ensures var g1 := Run(Mount(Session(true, true)), [SessionChanged(true, false), CheckResolved(1, Granted)]);
      g1.state.accessGranted && !g1.session.isSignedIn
    ensures var g2 := Run(Mount(Session(true, true)),
                          [SessionChanged(true, false), CheckResolved(1, Granted),
                           SessionChanged(true, true), CheckResolved(3, Denied(None))]);
      g2.inFlight == {} && ViewOf(g2) == MapRedirect
  {
  }

  /** As written, `checkingAccess` stays false when a later check starts,
      so a user who signs in sees the Access-Denied view while their check
      is still in flight. This happens on every cold start of a signed-in
      user: the gate mounts before the identity provider has loaded (the
      early return clears `checkingAccess`), then the provider loads. */
  lemma DeniedWhileCheckPending()
    ensures var g := Run(Mount(Session(false, false)), [SessionChanged(true, true)]);
      g.inFlight == {2} && ViewOf(g) == AccessDenied(None)
    ensures var g := Run(Mount(Session(true, false)), [SessionChanged(true, true)]);
      g.inFlight == {2} && ViewOf(g) == AccessDenied(None)
  {
  }
}
