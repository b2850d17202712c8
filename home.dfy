/**
 * The root page (front/app/page.tsx): the reconnecting socket with its
 * doubling delay, the choice of screen, the "log in again?" prompt and its
 * token check.
 *
 * Socket and timer events are method calls: `SocketOpened`, `SocketClosed`
 * and `ReconnectTimerFired`. Sockets are named by numbers; the number of the
 * socket a `connect` creates is an argument.
 */
module Home {
  import opened Wrappers
  import Api
  import opened FrontApi
  import opened Store
  import opened Cookies

  const MinRetryMs: int := 1000
  const MaxRetryMs: int := 10000

  function Min(a: int, b: int): int {
    if a <= b then a else b
  }

  /** The delay the close handler passes to the next `connect`: double, but never above the cap. */
  function NextRetry(retry: int): (r: int)
    ensures r <= MaxRetryMs && r <= retry + retry
    ensures r == MaxRetryMs || r == retry + retry
  {
    Min(MaxRetryMs, retry + retry)
  }

  /** The delay held by the n-th `connect` call; the first is made with MIN_RETRY_MS. */
  function Delay(n: nat): (d: int)
    ensures MinRetryMs <= d <= MaxRetryMs
  {
    if n == 0 then MinRetryMs else NextRetry(Delay(n - 1))
  }

  function Pow2(n: nat): (p: int)
    ensures p >= 1
  {
    if n == 0 then 1 else 2 * Pow2(n - 1)
  }

  /** The delays are the powers of two times MIN_RETRY_MS, capped at MAX_RETRY_MS. */
  lemma {:induction false} DelayClosedForm(n: nat)
    ensures Delay(n) == Min(MaxRetryMs, MinRetryMs * Pow2(n))
  {
    if n > 0 {
      DelayClosedForm(n - 1);
    }
  }

  /** The delays never decrease. */
  lemma {:induction false} DelayMonotone(m: nat, n: nat)
    requires m <= n
    ensures Delay(m) <= Delay(n)
  {
    if m < n {
      DelayMonotone(m, n - 1);
    }
  }

  /** The fifth `connect` and every later one wait MAX_RETRY_MS; the first four wait less. */
  lemma {:induction false} DelaySaturates(n: nat)
    ensures n >= 4 ==> Delay(n) == MaxRetryMs
    ensures n < 4 ==> Delay(n) < MaxRetryMs
  {
    if n > 0 {
      DelaySaturates(n - 1);
    }
  }

  /** What the page renders. */
  datatype Screen = Connecting | ReloginPrompt | Dashboard | LoginScreen

  /**
   * The page's render, in priority order: no socket, then the prompt when it
   * is wanted and both cookies' values are in the store, then the dashboard
   * when a token is held, else the login form.
   */
  function SelectScreen(socketSet: bool, promptLogin: bool, email: Option<string>, token: Option<string>): (s: Screen)
    ensures s == Connecting <==> !socketSet
    ensures s == ReloginPrompt <==> socketSet && promptLogin && Truthy(email) && Truthy(token)
    ensures s == Dashboard ==> socketSet && Truthy(token) && !(promptLogin && Truthy(email))
    ensures s == LoginScreen <==> socketSet && !Truthy(token)
  {
    if !socketSet then Connecting
    else if promptLogin && Truthy(email) && Truthy(token) then ReloginPrompt
    else if Truthy(token) then Dashboard
    else LoginScreen
  }

  /**
   * The `onToken` listener that a message arriving on socket `socketId`
   * answers, if any. `checks` maps each registered listener's uuid to the
   * socket it was added to; listeners on other sockets never hear the message.
   */
  function AnsweredCheck(checks: map<string, nat>, socketId: nat, m: Inbound): (r: Option<string>)
    ensures r.Some? ==> r.value in checks && checks[r.value] == socketId && Answers(m, r.value, Api.Token)
    ensures r.None? ==> forall u :: u in checks && checks[u] == socketId ==> !Answers(m, u, Api.Token)
  {
    if m.uuid.Some? && m.uuid.value in checks && checks[m.uuid.value] == socketId
       && m.kind == Some(Api.Code(Api.Token))
    then Some(m.uuid.value)
    else None
  }

  /** A listener added to an earlier socket ignores every message on a later one. */
  lemma StaleCheckIgnored(checks: map<string, nat>, socketId: nat, m: Inbound, u: string)
    requires u in checks && checks[u] != socketId
    ensures AnsweredCheck(checks, socketId, m) != Some(u)
  {
  }

  /** The `Home` component's state, the store it reads and the cookies it clears. */
  class Home {
    var socket: Option<nat>        // React state `socket`: set by `onopen`, cleared by `connect`
    var current: nat               // the socket the latest `connect` created
    var retry: int                 // the delay that socket's close handler holds
    var reconnect: Option<int>     // a pending `setTimeout` to reconnect, with its delay
    var promptLogin: bool
    var tokenChecks: map<string, nat>  // uuid of each `onToken` listener still registered -> its socket
    ghost var attempts: nat        // how many `connect` calls came before the latest one
    const store: TokenStore
    const cookies: CookieJar

    ghost predicate Valid()
      reads this
    {
      retry == Delay(attempts) && (reconnect.Some? ==> reconnect.value == retry)
    }

    /** The connection part of the state, which the prompt's handlers leave alone. */
    ghost function Link(): (Option<nat>, nat, int, Option<int>, nat)
      reads this
    {
      (socket, current, retry, reconnect, attempts)
    }

    function CurrentScreen(): Screen
      reads this, store
    {
      SelectScreen(socket.Some?, promptLogin, store.email, store.token)
    }

    /** The first render, before any effect has run. */
    constructor (store: TokenStore, cookies: CookieJar)
      ensures this.store == store && this.cookies == cookies
      ensures Valid() && socket == None && reconnect == None && !promptLogin && tokenChecks == map[]
    {
      this.store := store;
      this.cookies := cookies;
      socket, current, retry, reconnect := None, 0, MinRetryMs, None;
      promptLogin, tokenChecks := false, map[];
      attempts := 0;
    }

    /**
     * The two mount effects: copy the cookies into the store and ask to log in
     * again when both are truthy, then `connect(MIN_RETRY_MS)`.
     */
    method Mount(socketId: nat)
      requires socketId !in tokenChecks.Values  // `new WebSocket` is a new object
      modifies this, store
      ensures store.State() == WithToken(WithEmail(old(store.State()), cookies.email), cookies.token)
      ensures promptLogin == (old(promptLogin) || (Truthy(cookies.email) && Truthy(cookies.token)))
      ensures Valid() && attempts == 0 && retry == MinRetryMs
      ensures socket == None && current == socketId && reconnect == None
      ensures tokenChecks == old(tokenChecks)
      ensures CurrentScreen() == Connecting
    {
      store.SetEmail(cookies.email);
      store.SetToken(cookies.token);
      if Truthy(cookies.email) && Truthy(cookies.token) {
        promptLogin := true;
      }
      attempts := 0;
      reconnect := None;
      Connect(MinRetryMs, socketId);
    }

    /** `connect(retry)`: clears the socket and creates a new one whose handlers hold `retry`. */
    method Connect(retry: int, socketId: nat)
      requires socketId !in tokenChecks.Values  // `new WebSocket` is a new object
      modifies this
      ensures socket == None && current == socketId && this.retry == retry
      ensures reconnect == old(reconnect) && attempts == old(attempts)
      ensures promptLogin == old(promptLogin) && tokenChecks == old(tokenChecks)
      ensures CurrentScreen() == Connecting
    {
      socket := None;
      current := socketId;
      this.retry := retry;
    }

    /** `onopen` of the latest socket: it becomes the page's socket. */
    method SocketOpened()
      requires reconnect.None?
      modifies this
      ensures socket == Some(current)
      ensures current == old(current) && retry == old(retry) && reconnect == old(reconnect) && attempts == old(attempts)
      ensures promptLogin == old(promptLogin) && tokenChecks == old(tokenChecks)
    {
      socket := Some(current);
    }

    /**
     * `onclose` of the latest socket (the second assignment, the only handler
     * left): schedules a reconnect after `retry` ms. The page keeps showing
     * the closed socket until then.
     */
    method SocketClosed()
      requires Valid() && reconnect.None?
      modifies this
      ensures Valid() && reconnect == Some(retry)
      ensures socket == old(socket) && current == old(current) && retry == old(retry) && attempts == old(attempts)
      ensures promptLogin == old(promptLogin) && tokenChecks == old(tokenChecks)
    {
      reconnect := Some(retry);
    }

    /** The reconnect timer fires: `connect(Math.min(MAX_RETRY_MS, retry + retry))`. */
    method ReconnectTimerFired(socketId: nat)
      requires Valid() && reconnect.Some?
      requires socketId !in tokenChecks.Values  // `new WebSocket` is a new object
      modifies this
      ensures Valid() && attempts == old(attempts) + 1
      ensures retry == NextRetry(old(retry)) && retry == Delay(attempts)
      ensures socket == None && current == socketId && reconnect == None
      ensures promptLogin == old(promptLogin) && tokenChecks == old(tokenChecks)
      ensures CurrentScreen() == Connecting
    {
      reconnect := None;
      attempts := attempts + 1;
      Connect(NextRetry(retry), socketId);
    }

    /** "No": forget the remembered user and fall back to the login form. */
    method ChooseNo()
      requires CurrentScreen() == ReloginPrompt
      modifies this, store, cookies
      ensures cookies.email == None && cookies.token == None
      ensures store.State() == WithToken(WithEmail(old(store.State()), None), None)
      ensures !promptLogin && Link() == old(Link()) && tokenChecks == old(tokenChecks) && Valid() == old(Valid())
      ensures CurrentScreen() == LoginScreen
    {
      cookies.email := None;
      cookies.token := None;
      store.SetEmail(None);
      store.SetToken(None);
      promptLogin := false;
    }

    /** "Yes": add an `onToken` listener for a fresh request to the page's socket, and send the request. */
    method ChooseYes(uuid: string) returns (request: Outbound)
      requires CurrentScreen() == ReloginPrompt
      requires uuid !in tokenChecks
      modifies this
      ensures request == TokenRequest(uuid, store.email.value, store.token.value)
      ensures promptLogin == old(promptLogin) && Link() == old(Link()) && Valid() == old(Valid())
      ensures tokenChecks == old(tokenChecks)[uuid := socket.value]
    {
      request := TokenRequest(uuid, store.email.value, store.token.value);
      tokenChecks := tokenChecks[uuid := socket.value];
    }

    /**
     * A message arrives on the latest socket, which is open (a socket delivers
     * nothing before `onopen` or after `onclose`), and reaches the `onToken`
     * listeners added to it. The one it answers, if any,
     * closes the prompt, keeps the user (setting the first name) on success or
     * forgets them on failure, and removes itself; the others ignore it.
     */
    method OnMessage(m: Inbound)
      requires socket == Some(current) && reconnect.None?
      modifies this, store
      ensures Link() == old(Link()) && Valid() == old(Valid())
      ensures AnsweredCheck(old(tokenChecks), current, m).None? ==>
                tokenChecks == old(tokenChecks) && promptLogin == old(promptLogin) && store.State() == old(store.State())
      ensures AnsweredCheck(old(tokenChecks), current, m).Some? ==>
                tokenChecks == old(tokenChecks) - {m.uuid.value} && !promptLogin
                && store.State() == (if m.ok then WithFirstName(old(store.State()), m.firstName)
                                     else WithToken(WithEmail(old(store.State()), None), None))
    {
      var answered := AnsweredCheck(tokenChecks, current, m);
      if answered.None? {
        return;
      }
      promptLogin := false;
      if m.ok {
        store.SetFirstName(m.firstName);
      } else {
        store.SetEmail(None);
        store.SetToken(None);
      }
      tokenChecks := tokenChecks - {answered.value};
    }
  }

  /**
   * A client run: the user answers "Yes", the socket drops and reconnects, and
   * the answer then arrives on the new socket. The listener stayed on the old
   * socket, so the prompt and the stored user are untouched.
   */
  method ReconnectOrphansTokenCheck()
  {
    var store := new TokenStore();
    var cookies := new CookieJar(Some("ann@example.com"), Some("t0"));
    var home := new Home(store, cookies);
    home.Mount(0);
    home.SocketOpened();
    assert home.CurrentScreen() == ReloginPrompt;
    var request := home.ChooseYes("u");
    home.SocketClosed();
    home.ReconnectTimerFired(1);
    home.SocketOpened();
    home.OnMessage(Inbound(Some("u"), Some(Api.Code(Api.Token)), false, None, None, None));
    assert home.promptLogin && store.email == Some("ann@example.com") && store.token == Some("t0");
    assert home.CurrentScreen() == ReloginPrompt;
  }

  /** A failed token check leaves the page on the login form. */
  lemma FailedCheckShowsLogin(s: TokenState)
    ensures var after := WithToken(WithEmail(s, None), None);
            SelectScreen(true, false, after.email, after.token) == LoginScreen
  {
  }

  /** A successful token check with a truthy token leaves the page on the dashboard. */
  lemma PassedCheckShowsDashboard(s: TokenState, firstName: Option<string>)
    requires Truthy(s.token)
    ensures var after := WithFirstName(s, firstName);
            SelectScreen(true, false, after.email, after.token) == Dashboard
  {
  }
}
