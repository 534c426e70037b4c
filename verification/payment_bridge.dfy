/** The payment bridge of components/pages/WebViewPayment.tsx and the
    route that mounts it (app/(auth)/webview-payment.tsx): an embedded page
    whose only recognised message is the literal "voltar". */
module PaymentBridge {
  import opened Effects

  /** The one message with a meaning ("go back"). */
  const BackMessage: string := "voltar"

  /** The component's props; `onSignIn` is only recorded as present. */
  datatype Props = Props(url: string, hasOnSignIn: bool)

  /** The `url` search parameter of the payment route. */
  datatype SearchParam = Missing | Single(value: string) | Repeated(values: seq<string>)

  /** The route passes the parameter through when it is one string and an
      empty URL otherwise; it always supplies `onSignIn`. */
  function RouteProps(p: SearchParam): (props: Props)
    ensures props.hasOnSignIn
    ensures p.Single? ==> props.url == p.value
    ensures !p.Single? ==> props.url == ""
  {
    Props(if p.Single? then p.value else "", true)
  }

  /** The page the web view loads (`${url}` of a string is the string). */
  function EmbeddedSource(props: Props): string
  {
    props.url
  }

  /** Through the payment route, the web view loads the `url` parameter
      verbatim when it is a single string and an empty address otherwise. */
  lemma EmbeddedPageIsUrlParam(p: SearchParam)
    ensures p.Single? ==> EmbeddedSource(RouteProps(p)) == p.value
    ensures !p.Single? ==> EmbeddedSource(RouteProps(p)) == ""
  {
  }

  /** `handleMessage`: a strict comparison with "voltar"; on a match one
      `push` to sign-in, otherwise nothing. */
  function HandleMessage(props: Props, message: string): (actions: seq<Action>)
    ensures message == BackMessage ==> actions == [Navigate(Push, SignInRoute)]
    ensures message != BackMessage ==> actions == []
  {
    if message == BackMessage then [Navigate(Push, SignInRoute)] else []
  }

  /** Exactly one navigation for "voltar", none for anything else. */
  lemma NavigatesIffBack(props: Props, message: string)
    ensures Navigations(HandleMessage(props, message)) == (if message == BackMessage then 1 else 0)
  {
  }

  /** The handler depends on the message alone, not on `url` or `onSignIn`. */
  lemma HandlerIgnoresProps(p1: Props, p2: Props, message: string)
    ensures HandleMessage(p1, message) == HandleMessage(p2, message)
  {
  }

  /** Near misses do nothing: the empty string, another case, surrounding
      blanks, and a JSON text that merely contains the word. */
  lemma NearMissesIgnored(props: Props)
    ensures HandleMessage(props, "") == []
    ensures HandleMessage(props, "Voltar") == []
    ensures HandleMessage(props, " voltar") == []
    ensures HandleMessage(props, "voltar ") == []
    ensures HandleMessage(props, "{\"command\":\"voltar\"}") == []
  {
  }

  /** Over a stream of messages, the number of navigations is the number of
      "voltar" messages. */
  function HandleAll(props: Props, messages: seq<string>): (actions: seq<Action>)
    ensures Navigations(actions) == |actions| == CountBack(messages)
    decreases |messages|
  {
    if messages == [] then []
    else
      NavigationsAppend(HandleMessage(props, messages[0]), HandleAll(props, messages[1..]));
      HandleMessage(props, messages[0]) + HandleAll(props, messages[1..])
  }

  function CountBack(messages: seq<string>): nat
    decreases |messages|
  {
    if messages == [] then 0
    else (if messages[0] == BackMessage then 1 else 0) + CountBack(messages[1..])
  }
}
