/**
 * The login and signup form (front/app/pages/login.tsx): submitting a request,
 * matching its response by uuid and type, and the `sending`/error cells.
 *
 * The request cells and the store fields the form writes are a `FormView`
 * value; each handler is a function over it, and the `LoginForm` class updates
 * its cells in place as those functions say. Socket events are method calls.
 */
module LoginPage {
  import opened Wrappers
  import Api
  import opened FrontApi
  import opened Store
  import opened Cookies

  /** `sending`, `uuid`, `error`, `errorOpen`, and the token store. */
  datatype FormView = FormView(sending: bool, uuid: string, error: Option<string>, errorOpen: bool, store: TokenState)

  /** The state the component starts in, over a given store. */
  function Fresh(store: TokenState): FormView {
    FormView(false, "", None, false, store)
  }

  /**
   * `handleSignup`: ignores all but the answer to the current request of type
   * SIGNUP; that answer ends `sending` and stores the token on success, or
   * shows its reason on failure.
   */
  function OnSignupResponse(v: FormView, m: Inbound): (r: FormView)
    ensures !Answers(m, v.uuid, Api.Signup) ==> r == v
    ensures Answers(m, v.uuid, Api.Signup) ==> !r.sending && r.uuid == v.uuid
    ensures Answers(m, v.uuid, Api.Signup) && m.ok ==>
              r.store == WithToken(v.store, m.token) && r.error == v.error && r.errorOpen == v.errorOpen
    ensures Answers(m, v.uuid, Api.Signup) && !m.ok ==> r.error == m.reason && r.errorOpen && r.store == v.store
  {
    if !Answers(m, v.uuid, Api.Signup) then v
    else if m.ok then v.(sending := false, store := WithToken(v.store, m.token))
    else v.(sending := false, error := m.reason, errorOpen := true)
  }

  /**
   * `handleLogin`: as `handleSignup` for type LOGIN, and a success also
   * stores the first name.
   */
  function OnLoginResponse(v: FormView, m: Inbound): (r: FormView)
    ensures !Answers(m, v.uuid, Api.Login) ==> r == v
    ensures Answers(m, v.uuid, Api.Login) ==> !r.sending && r.uuid == v.uuid
    ensures Answers(m, v.uuid, Api.Login) && m.ok ==>
              r.store == WithFirstName(WithToken(v.store, m.token), m.firstName)
              && r.error == v.error && r.errorOpen == v.errorOpen
    ensures Answers(m, v.uuid, Api.Login) && !m.ok ==> r.error == m.reason && r.errorOpen && r.store == v.store
  {
    if !Answers(m, v.uuid, Api.Login) then v
    else if m.ok then v.(sending := false, store := WithFirstName(WithToken(v.store, m.token), m.firstName))
    else v.(sending := false, error := m.reason, errorOpen := true)
  }

  /** Whether a message answers the current request, as signup or as login. */
  predicate Settles(uuid: string, m: Inbound) {
    Answers(m, uuid, Api.Signup) || Answers(m, uuid, Api.Login)
  }

  /**
   * A message event, delivered to both listeners in the order they were
   * added. Only a message carrying the current uuid and a SIGNUP or LOGIN
   * type changes anything; it ends `sending`, and then either stores the token
   * (and, for LOGIN, the first name) or shows its reason in the alert.
   */
  function Receive(v: FormView, m: Inbound): (r: FormView)
    ensures !Settles(v.uuid, m) ==> r == v
    ensures r.uuid == v.uuid
    ensures Settles(v.uuid, m) ==> !r.sending
    ensures Settles(v.uuid, m) && m.ok ==>
              r.store.token == m.token && r.store.email == v.store.email
              && r.error == v.error && r.errorOpen == v.errorOpen
    ensures Answers(m, v.uuid, Api.Login) && m.ok ==> r.store.firstName == m.firstName
    ensures Answers(m, v.uuid, Api.Signup) ==> r.store.firstName == v.store.firstName
    ensures Settles(v.uuid, m) && !m.ok ==> r.error == m.reason && r.errorOpen && r.store == v.store
  {
    OnLoginResponse(OnSignupResponse(v, m), m)
  }

  /**
   * The Login button: disabled while `sending`; otherwise marks the request
   * as sending under its new uuid and stores the form's email and first name.
   */
  function SubmitLogin(v: FormView, uuid: string, email: string, firstName: string): (r: FormView)
    ensures v.sending ==> r == v
    ensures !v.sending ==> r.sending && r.uuid == uuid && r.error == v.error && r.errorOpen == v.errorOpen
    ensures !v.sending ==> r.store == TokenState(Some(email), Some(firstName), v.store.token)
  {
    if v.sending then v
    else v.(sending := true, uuid := uuid, store := WithFirstName(WithEmail(v.store, Some(email)), Some(firstName)))
  }

  /** The Signup button: as Login, but only the email goes to the store. */
  function SubmitSignup(v: FormView, uuid: string, email: string): (r: FormView)
    ensures v.sending ==> r == v
    ensures !v.sending ==> r.sending && r.uuid == uuid && r.error == v.error && r.errorOpen == v.errorOpen
    ensures !v.sending ==> r.store == TokenState(Some(email), v.store.firstName, v.store.token)
  {
    if v.sending then v
    else v.(sending := true, uuid := uuid, store := WithEmail(v.store, Some(email)))
  }

  /** The events the form reacts to after a request has been sent. */
  datatype Event = Message(m: Inbound) | Closed | Errored | AlertDismissed

  /** One event: a message, the socket's close or error (both end `sending`), or the alert's close button. */
  function Step(v: FormView, e: Event): (r: FormView)
    ensures r.uuid == v.uuid
    ensures e.Closed? || e.Errored? ==> r == v.(sending := false)
    ensures e.AlertDismissed? ==> r == v.(errorOpen := false)
  {
    match e
    case Message(m) => Receive(v, m)
    case Closed => v.(sending := false)
    case Errored => v.(sending := false)
    case AlertDismissed => v.(errorOpen := false)
  }

  /** A sequence of events, in order. */
  function Run(v: FormView, es: seq<Event>): FormView
    decreases |es|
  {
    if es == [] then v else Run(Step(v, es[0]), es[1..])
  }

  /** Whether an event ends the request with this uuid. */
  predicate Ends(uuid: string, e: Event) {
    e.Closed? || e.Errored? || (e.Message? && Settles(uuid, e.m))
  }

  /**
   * No cross-talk: messages that do not answer the current request, however
   * many, leave the form and the store exactly as they were.
   */
  lemma {:induction false} UnrelatedMessagesIgnored(v: FormView, es: seq<Event>)
    requires forall i :: 0 <= i < |es| ==> es[i].Message? && !Settles(v.uuid, es[i].m)
    ensures Run(v, es) == v
    decreases |es|
  {
    if es != [] {
      assert Step(v, es[0]) == v;
      UnrelatedMessagesIgnored(v, es[1..]);
    }
  }

  /**
   * A request stays in flight, with its uuid and the store untouched, until
   * its answer arrives or the socket closes or errors.
   */
  lemma {:induction false} PendingUntilEnded(v: FormView, es: seq<Event>)
    requires forall i :: 0 <= i < |es| ==> !Ends(v.uuid, es[i])
    ensures Run(v, es).sending == v.sending && Run(v, es).uuid == v.uuid && Run(v, es).store == v.store
    decreases |es|
  {
    if es != [] {
      var w := Step(v, es[0]);
      assert w.sending == v.sending && w.uuid == v.uuid && w.store == v.store;
      PendingUntilEnded(w, es[1..]);
    }
  }

  /** A repeated response (the handlers stay registered) leaves the same state as one. */
  lemma ReceiveIdempotent(v: FormView, m: Inbound)
    ensures Receive(Receive(v, m), m) == Receive(v, m)
  {
  }

  /**
   * After a Login submit, the answer to that request settles it (storing the
   * token on success), while a late answer to the previous uuid is ignored.
   */
  lemma LoginCorrelation(v: FormView, uuid: string, email: string, firstName: string, m: Inbound)
    requires !v.sending
    ensures var s := SubmitLogin(v, uuid, email, firstName);
            s.sending
            && (Answers(m, uuid, Api.Login) ==> !Receive(s, m).sending)
            && (Answers(m, uuid, Api.Login) && m.ok ==> Receive(s, m).store.token == m.token)
            && (uuid != v.uuid && m.uuid == Some(v.uuid) ==> Receive(s, m) == s)
  {
  }

  /** Likewise after a Signup submit. */
  lemma SignupCorrelation(v: FormView, uuid: string, email: string, m: Inbound)
    requires !v.sending
    ensures var s := SubmitSignup(v, uuid, email);
            s.sending
            && (Answers(m, uuid, Api.Signup) ==> !Receive(s, m).sending)
            && (Answers(m, uuid, Api.Signup) && m.ok ==> Receive(s, m).store.token == m.token)
            && (uuid != v.uuid && m.uuid == Some(v.uuid) ==> Receive(s, m) == s)
  {
  }

  /** The `Login` component: its form fields, request cells, and the store and cookies it writes. */
  class LoginForm {
    var firstName: string
    var lastName: string
    var email: string
    var password: string
    var isSignup: bool
    var sending: bool
    var uuid: string
    var error: Option<string>
    var errorOpen: bool
    const store: TokenStore
    const cookies: CookieJar

    function View(): FormView
      reads this, store
    {
      FormView(sending, uuid, error, errorOpen, store.State())
    }

    /** The text fields and the mode, which the request handlers leave alone. */
    function Fields(): (string, string, string, string, bool)
      reads this
    {
      (firstName, lastName, email, password, isSignup)
    }

    constructor (store: TokenStore, cookies: CookieJar)
      ensures this.store == store && this.cookies == cookies
      ensures View() == Fresh(store.State()) && Fields() == ("", "", "", "", false)
    {
      this.store := store;
      this.cookies := cookies;
      firstName, lastName, email, password := "", "", "", "";
      isSignup, sending, uuid := false, false, "";
      error, errorOpen := None, false;
    }

    /** The text fields' `onChange` handlers. */
    method Edit(firstName: string, lastName: string, email: string, password: string)
      modifies this
      ensures Fields() == (firstName, lastName, email, password, old(isSignup))
      ensures View() == old(View())
    {
      this.firstName, this.lastName, this.email, this.password := firstName, lastName, email, password;
    }

    /** The "Signup" and "Login" text buttons, which switch the form's mode. */
    method SetMode(signup: bool)
      modifies this
      ensures Fields() == (firstName, lastName, email, password, signup)
      ensures firstName == old(firstName) && lastName == old(lastName) && email == old(email) && password == old(password)
      ensures View() == old(View())
    {
      isSignup := signup;
    }

    /** The Login button (shown in login mode); a click while `sending` does nothing. */
    method ClickLogin(uuid: string) returns (sent: Option<Outbound>)
      requires !isSignup
      modifies this, store, cookies
      ensures View() == SubmitLogin(old(View()), uuid, email, firstName)
      ensures Fields() == old(Fields()) && cookies.token == old(cookies.token)
      ensures old(sending) ==> sent == None && cookies.email == old(cookies.email)
      ensures !old(sending) ==> sent == Some(LoginRequest(uuid, email, password)) && cookies.email == Some(email)
    {
      if sending {
        return None;
      }
      sending := true;
      cookies.email := Some(email);
      this.uuid := uuid;
      sent := Some(LoginRequest(uuid, email, password));
      store.SetEmail(Some(email));
      store.SetFirstName(Some(firstName));
    }

    /** The Signup button (shown in signup mode); a click while `sending` does nothing. */
    method ClickSignup(uuid: string) returns (sent: Option<Outbound>)
      requires isSignup
      modifies this, store, cookies
      ensures View() == SubmitSignup(old(View()), uuid, email)
      ensures Fields() == old(Fields()) && cookies.token == old(cookies.token)
      ensures old(sending) ==> sent == None && cookies.email == old(cookies.email)
      ensures !old(sending) ==> sent == Some(SignupRequest(uuid, firstName, lastName, email, password)) && cookies.email == Some(email)
    {
      if sending {
        return None;
      }
      sending := true;
      cookies.email := Some(email);
      this.uuid := uuid;
      sent := Some(SignupRequest(uuid, firstName, lastName, email, password));
      store.SetEmail(Some(email));
    }

    /** A message event: `handleSignup`, then `handleLogin`; a settled success also writes the token cookie. */
    method OnMessage(m: Inbound)
      modifies this, store, cookies
      ensures View() == Receive(old(View()), m)
      ensures Fields() == old(Fields()) && cookies.email == old(cookies.email)
      ensures cookies.token == if Settles(old(uuid), m) && m.ok then Some(CookieText(m.token)) else old(cookies.token)
    {
      if Answers(m, uuid, Api.Signup) {
        if m.ok {
          sending := false;
          store.SetToken(m.token);
          cookies.token := Some(CookieText(m.token));
        } else {
          sending := false;
          error := m.reason;
          errorOpen := true;
        }
      }
      if Answers(m, uuid, Api.Login) {
        if m.ok {
          sending := false;
          store.SetToken(m.token);
          cookies.token := Some(CookieText(m.token));
          store.SetFirstName(m.firstName);
        } else {
          sending := false;
          error := m.reason;
          errorOpen := true;
        }
      }
    }

    /** The socket's `close` event. */
    method OnClose()
      modifies this
      ensures View() == Step(old(View()), Closed) && Fields() == old(Fields())
    {
      sending := false;
    }

    /** The socket's `error` event. */
    method OnError()
      modifies this
      ensures View() == Step(old(View()), Errored) && Fields() == old(Fields())
    {
      sending := false;
    }

    /** The alert's close button. */
    method DismissAlert()
      modifies this
      ensures View() == Step(old(View()), AlertDismissed) && Fields() == old(Fields())
    {
      errorOpen := false;
    }
  }
}
