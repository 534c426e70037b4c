/** What the screens ask the platform to do. Router, URL opener, alert
    dialog and identity provider are outside the model; a handler is modelled
    by the list of actions it emits, in the order it emits them. */
module Effects {

  /** The sign-in route used by the gate, the Access-Denied screen and the
      payment bridge. */
  const SignInRoute: string := "/(auth)/sign-in"

  /** The authorised surface the gate redirects to. */
  const MapRoute: string := "/(tabs)/map"

  /** `router.push` adds to the history; `router.replace` and `<Redirect>`
      replace the current entry. */
  datatype NavMode = Push | Replace

  datatype Action =
    | Navigate(mode: NavMode, route: string)
    | OpenUrl(url: string)
    | ShowAlert(title: string, message: string)
    | CallSignOut
    | UpdateProfile(firstName: string, lastName: string)

  /** The number of navigations in a list of actions. */
  function Navigations(actions: seq<Action>): (n: nat)
    ensures n <= |actions|
    ensures n == 0 <==> forall i :: 0 <= i < |actions| ==> !actions[i].Navigate?
  {
    if actions == [] then 0
    else (if actions[0].Navigate? then 1 else 0) + Navigations(actions[1..])
  }

  lemma {:induction false} NavigationsAppend(a: seq<Action>, b: seq<Action>)
    ensures Navigations(a + b) == Navigations(a) + Navigations(b)
    decreases |a|
  {
    if a == [] {
      assert a + b == b;
    } else {
      assert (a + b)[1..] == a[1..] + b;
      NavigationsAppend(a[1..], b);
    }
  }
}
