/**
 * The backend's request handling (back/meetup_maker/server.py): the session
 * table `g_sessions`, from token to the time it was last seen, and the
 * operations over it and over the users relation.
 *
 * `datetime.now()` is an integer clock in seconds passed as `now`; the token
 * that `uuid4()` draws is passed as `freshToken`.
 */
module Server {
  import opened Wrappers
  import opened Api
  import opened Database

  /** The outcome of `validate_token`: its answer and the session table afterwards. */
  datatype Validation = Validation(valid: bool, sessions: map<string, int>)

  /**
   * `validate_token`: unknown tokens are refused; a token last seen more than
   * `sessionLength` seconds ago is evicted and refused; any other token is
   * refreshed to `now` and accepted.
   */
  function Validate(sessions: map<string, int>, token: string, now: int, sessionLength: int): (r: Validation)
    ensures r.valid <==> token in sessions && now - sessions[token] <= sessionLength
    ensures token !in sessions ==> r.sessions == sessions
    ensures r.sessions.Keys == if token in sessions && !r.valid then sessions.Keys - {token} else sessions.Keys
    ensures forall t :: t in sessions && t != token ==> t in r.sessions && r.sessions[t] == sessions[t]
    ensures r.valid ==> r.sessions[token] == now
  {
    if token !in sessions then Validation(false, sessions)
    else if now - sessions[token] > sessionLength then Validation(false, sessions - {token})
    else Validation(true, sessions[token := now])
  }

  /** A token exactly `sessionLength` seconds old is still accepted: the test is a strict `>`. */
  lemma ValidAtExactSessionLength(sessions: map<string, int>, token: string, now: int, sessionLength: int)
    requires token in sessions && now - sessions[token] == sessionLength
    ensures Validate(sessions, token, now, sessionLength).valid
  {
  }

  /** Validation is idempotent at one instant: the second call answers the same and changes nothing. */
  lemma ValidateIdempotent(sessions: map<string, int>, token: string, now: int, sessionLength: int)
    requires sessionLength >= 0
    ensures var first := Validate(sessions, token, now, sessionLength);
            Validate(first.sessions, token, now, sessionLength) == first
  {
  }

  /** A refresh keeps the token alive for another `sessionLength` seconds. */
  lemma RefreshExtendsSession(sessions: map<string, int>, token: string, now: int, later: int, sessionLength: int)
    requires Validate(sessions, token, now, sessionLength).valid
    requires now <= later <= now + sessionLength
    ensures Validate(Validate(sessions, token, now, sessionLength).sessions, token, later, sessionLength).valid
  {
  }

  /** The message a failed signup is answered with. */
  const SignupFailure: string := "Could not sign up user"

  /** What `_server` does with one inbound message. */
  datatype Step =
    | Reply(response: Response)   // `ws.send(...serialize())`
    | Silent                      // the message is dropped and the loop goes on
    | Stop                        // the handler returns and the connection's loop ends

  /**
   * A decoded inbound message as `_server` sees it: the value under the key
   * `"message"` (None when `loads` or the lookup raises: text that is not
   * JSON, JSON that is not an object, or an object without the key), and the result of
   * `ClientSignup.cast` on the whole dictionary (None when the cast raises).
   */
  datatype Incoming = Incoming(message: Option<Json>, signup: Option<ClientSignup>)

  /**
   * `Message(d["message"])`. A JSON boolean is a Python `int`, so `false`
   * and `true` name SIGNUP and LOGIN; anything else that is not one of the
   * enumeration's integers raises.
   */
  function MessageKind(v: Json): (r: Option<Message>)
    ensures v.JInt? ==> r == FromCode(v.i)
    ensures r.Some? ==> v.JInt? || v.JBool?
    ensures v.JBool? ==> r == FromCode(if v.b then 1 else 0)
    ensures r == Some(Signup) <==> v == JInt(0) || v == JBool(false)
    ensures r == Some(Login) <==> v == JInt(1) || v == JBool(true)
  {
    match v
    case JInt(i) => FromCode(i)
    case JBool(b) => FromCode(if b then 1 else 0)
    case _ => None
  }

  /**
   * The `User` that `_handle_signup` builds from a signup request: its names,
   * email and password hash, without the uuid and type.
   */
  function Applicant(m: ClientSignup): (u: User)
    ensures u.firstName == m.firstName && u.lastName == m.lastName
    ensures u.email == m.email && u.kdf == m.kdf
  {
    User(m.firstName, m.lastName, m.email, m.kdf)
  }

  /** The server's process state: `g_sessions`, the configured session length and the database. */
  class SessionServer {
    var sessions: map<string, int>
    const sessionLength: int
    const db: Connection

    /** `main`: an empty session table over a database whose tables exist. */
    constructor (sessionLength: int, db: Connection)
      requires UsersTable in db.tables
      ensures this.sessionLength == sessionLength && this.db == db && sessions == map[]
    {
      this.sessionLength := sessionLength;
      this.db := db;
      sessions := map[];
    }

    /**
     * `signup`: refuses an email that already exists, otherwise tries the
     * insert. The pre-check answers exactly what the UNIQUE constraint would.
     */
    method Signup(u: User, fault: bool) returns (ok: bool)
      requires db.Valid() && UsersTable in db.tables
      modifies db
      ensures db.Valid() && db.tables == old(db.tables)
      ensures u.email in old(db.users) ==> !ok && db.users == old(db.users)
      ensures Insert(ok, db.users) == InsertUser(old(db.users), u, fault)
    {
      var known := db.UserExists(u.email);
      if known {
        return false;
      }
      ok := db.AddUser(u, fault);
    }

    /** `login`: true exactly when the user exists and the password verifies. */
    method Login(email: string, password: string, verify: (string, string) -> bool) returns (ok: bool)
      requires UsersTable in db.tables
      ensures ok <==> email in db.users && verify(db.users[email].kdf, password)
    {
      var known := db.UserExists(email);
      if !known {
        return false;
      }
      var valid := db.CredentialsValid(email, password, verify);
      if !valid {
        return false;
      }
      return true;
    }

    /** `validate_token`, updating `g_sessions` in place. */
    method ValidateToken(token: string, now: int) returns (valid: bool)
      modifies this
      ensures Validation(valid, sessions) == Validate(old(sessions), token, now, sessionLength)
    {
      if token !in sessions {
        return false;
      }
      if now - sessions[token] > sessionLength {
        sessions := sessions - {token};
        return false;
      }
      sessions := sessions[token := now];
      return true;
    }

    /** `heartbeat`: exactly `validate_token`, answer and effect. */
    method Heartbeat(token: string, now: int) returns (valid: bool)
      modifies this
      ensures Validation(valid, sessions) == Validate(old(sessions), token, now, sessionLength)
    {
      valid := ValidateToken(token, now);
    }

    /**
     * `_handle_signup`: on failure a `ServerResponse` of the request's type
     * with `ok = false` and the failure reason, and no session; on success a
     * fresh session token mapped to `now`, returned in a `ServerSignup`.
     */
    method HandleSignup(m: ClientSignup, fault: bool, freshToken: string, now: int) returns (r: Response)
      requires db.Valid() && UsersTable in db.tables
      requires freshToken !in sessions
      modifies this, db
      ensures db.Valid() && db.tables == old(db.tables)
      ensures Insert(r.ok, db.users) == InsertUser(old(db.users), Applicant(m), fault)
      ensures !r.ok ==> r == ServerResponse(m.kind, false, Some(SignupFailure)) && sessions == old(sessions)
      ensures r.ok ==> r == ServerSignup(Message.Signup, true, None, freshToken)
      ensures r.ok ==> sessions == old(sessions)[freshToken := now] && |sessions| == |old(sessions)| + 1
    {
      var result := Signup(Applicant(m), fault);
      if !result {
        return ServerResponse(m.kind, reason := Some(SignupFailure));
      }
      sessions := sessions[freshToken := now];
      r := ServerSignup(token := freshToken);
    }

    /**
     * One turn of `_server`'s loop. A missing `"message"` key, a value that is
     * not a message kind, or a failing cast ends the loop (the handler's
     * `return` sends nothing); SIGNUP is answered; every other kind is dropped.
     */
    method Dispatch(msg: Incoming, fault: bool, freshToken: string, now: int) returns (step: Step)
      requires db.Valid() && UsersTable in db.tables
      requires freshToken !in sessions
      modifies this, db
      ensures db.Valid() && db.tables == old(db.tables)
      ensures step.Reply? <==> msg.message.Some? && MessageKind(msg.message.value) == Some(Message.Signup) && msg.signup.Some?
      ensures step == Stop <==>
                (msg.message.None? || MessageKind(msg.message.value).None?
                 || (MessageKind(msg.message.value) == Some(Message.Signup) && msg.signup.None?))
      ensures !step.Reply? ==> sessions == old(sessions) && db.users == old(db.users)
      ensures step.Reply? ==> Insert(step.response.ok, db.users) == InsertUser(old(db.users), Applicant(msg.signup.value), fault)
      ensures step.Reply? && step.response.ok ==>
                step.response == ServerSignup(Message.Signup, true, None, freshToken) && sessions == old(sessions)[freshToken := now]
      ensures step.Reply? && !step.response.ok ==>
                step.response == ServerResponse(msg.signup.value.kind, false, Some(SignupFailure)) && sessions == old(sessions)
    {
      if msg.message.None? {
        return Stop;
      }
      var kind := MessageKind(msg.message.value);
      if kind.None? {
        return Stop;
      }
      if kind.value != Message.Signup {
        return Silent;
      }
      if msg.signup.None? {
        return Stop;
      }
      var response := HandleSignup(msg.signup.value, fault, freshToken, now);
      step := Reply(response);
    }
  }
}
