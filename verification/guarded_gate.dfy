/** The access gate with the defects of the as-written gate removed: a
    check that issues a request raises `checkingAccess` again, a completion
    is applied only when it answers the most recent run of the check
    effect, and a denial withdraws an earlier grant. Everything else (view
    selection, reset, how a grant or a failure is applied) is the
    as-written gate's. */
module GuardedGate {
  import opened Nullable
  import opened AuthGate

  /** The check effect, raising `checkingAccess` while its request is in
      flight. Every run supersedes the requests of earlier runs. */
  function RunCheckGuarded(g: Gate): (r: Gate)
    ensures r.checkRuns == g.checkRuns + 1 && r.session == g.session
    ensures r.state.accessGranted == g.state.accessGranted && r.state.portalUrl == g.state.portalUrl
    ensures r.state.checkingAccess <==> g.session.isLoaded && g.session.isSignedIn
    ensures r.inFlight == g.inFlight + (if r.state.checkingAccess then {r.checkRuns} else {})
  {
    var run := g.checkRuns + 1;
    if !g.session.isLoaded || !g.session.isSignedIn then
      g.(state := g.state.(checkingAccess := false), checkRuns := run)
    else
      g.(state := g.state.(checkingAccess := true), checkRuns := run, inFlight := g.inFlight + {run})
  }

  /** Applying the latest check's outcome: as written, except that a
      denial also clears the grant. */
  function ResolveGuarded(st: GateState, o: Outcome): (r: GateState)
    ensures o.Denied? ==> r == Resolve(st, o).(accessGranted := false)
    ensures !o.Denied? ==> r == Resolve(st, o)
  {
    var r := Resolve(st, o);
    if o.Denied? then r.(accessGranted := false) else r
  }

  function CommitGuarded(g: Gate, s: Session, resetFires: bool, checkFires: bool): Gate
  {
    var g' := g.(session := s, state := if resetFires then Reset(g.state, s.isSignedIn) else g.state);
    if checkFires then RunCheckGuarded(g') else g'
  }

  function MountGuarded(s: Session): Gate
  {
    CommitGuarded(Gate(s, InitialState, 0, {}), s, true, true)
  }

  /** One event; a completion of a superseded request only leaves the
      in-flight set. */
  function StepGuarded(g: Gate, e: Event): Gate
  {
    match e
    case SessionChanged(l, si) =>
      var s := Session(l, si);
      CommitGuarded(g, s, si != g.session.isSignedIn, s != g.session)
    case CheckResolved(id, o) =>
      if id !in g.inFlight then g
      else if id == g.checkRuns then g.(state := ResolveGuarded(g.state, o), inFlight := g.inFlight - {id})
      else g.(inFlight := g.inFlight - {id})
  }

  function RunGuarded(g: Gate, t: seq<Event>): Gate
    decreases |t|
  {
    if t == [] then g else RunGuarded(StepGuarded(g, t[0]), t[1..])
  }

  /** What the corrected gate keeps true between events: it is checking
      exactly while the latest run's request is in flight, that request
      belongs to a signed-in session, and neither a grant nor a portal URL
      survives a signed-out session. */
  ghost predicate GuardedValid(g: Gate)
  {
    && (forall id :: id in g.inFlight ==> 1 <= id <= g.checkRuns)
    && (g.state.checkingAccess <==> g.checkRuns in g.inFlight)
    && (g.checkRuns in g.inFlight ==> g.session == Session(true, true))
    && (g.state.accessGranted ==> g.session.isSignedIn)
    && (g.state.portalUrl.Some? ==> g.session.isSignedIn)
  }

  lemma MountGuardedValid(s: Session)
    ensures GuardedValid(MountGuarded(s))
  {
  }

  lemma StepGuardedValid(g: Gate, e: Event)
    requires GuardedValid(g)
    ensures GuardedValid(StepGuarded(g, e))
  {
  }

  lemma {:induction false} RunGuardedValid(g: Gate, t: seq<Event>)
    requires GuardedValid(g)
    ensures GuardedValid(RunGuarded(g, t))
    decreases |t|
  {
    if t != [] {
      StepGuardedValid(g, t[0]);
      RunGuardedValid(StepGuarded(g, t[0]), t[1..]);
    }
  }

  /** A completion that does not answer the latest check changes nothing
      the view depends on. */
  lemma StaleResultIgnored(g: Gate, id: nat, o: Outcome)
    requires id != g.checkRuns
    ensures StepGuarded(g, CheckResolved(id, o)).state == g.state
    ensures StepGuarded(g, CheckResolved(id, o)).session == g.session
  {
  }

  /** Whatever happens, a signed-out session holds no grant and no portal
      URL, so no late response can carry a grant over to the next user. */
  lemma SignedOutNeverGranted(s: Session, t: seq<Event>)
    ensures var g := RunGuarded(MountGuarded(s), t);
      !g.session.isSignedIn ==> !g.state.accessGranted && g.state.portalUrl == None
  {
    MountGuardedValid(s);
    RunGuardedValid(MountGuarded(s), t);
  }

  /** While the latest check is in flight the view is Loading, never the
      Access-Denied view or the map. */
  lemma LoadingWhileLatestPending(s: Session, t: seq<Event>)
    ensures var g := RunGuarded(MountGuarded(s), t);
      g.checkRuns in g.inFlight ==> ViewOf(g) == Loading
  {
    MountGuardedValid(s);
    RunGuardedValid(MountGuarded(s), t);
  }

  /** When the latest check is answered, the view follows that answer
      alone: the map for a grant, Access-Denied with the checkout URL (or
      none) for a denial, whatever earlier answers said. */
  lemma LatestAnswerDecidesView(g: Gate, o: Outcome)
    requires GuardedValid(g) && g.checkRuns in g.inFlight
    ensures var v := ViewOf(StepGuarded(g, CheckResolved(g.checkRuns, o)));
      && (o.Granted? ==> v == MapRedirect)
      && (o.Denied? ==> v == AccessDenied(OrNull(o.checkoutUrl)))
  {
  }

  /** On the traces that expose the as-written gate, the corrected gate
      shows Access-Denied for a denied user, and Loading while a check runs
      after sign-in from a warm or a cold start. */
  lemma CorrectedOnWitnessTraces()
    ensures ViewOf(RunGuarded(MountGuarded(Session(true, true)),
                              [SessionChanged(true, false), CheckResolved(1, Granted),
                               SessionChanged(true, true), CheckResolved(3, Denied(None))]))
            == AccessDenied(None)
    ensures ViewOf(RunGuarded(MountGuarded(Session(true, false)), [SessionChanged(true, true)])) == Loading
    ensures ViewOf(RunGuarded(MountGuarded(Session(false, false)), [SessionChanged(true, true)])) == Loading
  {
  }
}
