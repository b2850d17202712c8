/**
 * The client's token store (front/state.tsx): a single store object with the
 * fields `email`, `first_name` and `token`, each overwritten in place by its
 * own setter.
 */
module Store {
  import opened Wrappers

  /** The store's three fields, as a value. */
  datatype TokenState = TokenState(email: Option<string>, firstName: Option<string>, token: Option<string>)

  /** The store as created: every field undefined. */
  const Initial: TokenState := TokenState(None, None, None)

  /** `setEmail`: replaces `email` only. */
  function WithEmail(s: TokenState, e: Option<string>): (r: TokenState)
    ensures r.email == e && r.firstName == s.firstName && r.token == s.token
  {
    s.(email := e)
  }

  /** `setFirstName`: replaces `first_name` only. */
  function WithFirstName(s: TokenState, n: Option<string>): (r: TokenState)
    ensures r.firstName == n && r.email == s.email && r.token == s.token
  {
    s.(firstName := n)
  }

  /** `setToken`: replaces `token` only. */
  function WithToken(s: TokenState, t: Option<string>): (r: TokenState)
    ensures r.token == t && r.email == s.email && r.firstName == s.firstName
  {
    s.(token := t)
  }

  /** Each setter is idempotent. */
  lemma SettersIdempotent(s: TokenState, v: Option<string>)
    ensures WithEmail(WithEmail(s, v), v) == WithEmail(s, v)
    ensures WithFirstName(WithFirstName(s, v), v) == WithFirstName(s, v)
    ensures WithToken(WithToken(s, v), v) == WithToken(s, v)
  {
  }

  /** Setters of different fields commute, so the order of two `set` calls does not matter. */
  lemma SettersCommute(s: TokenState, e: Option<string>, n: Option<string>, t: Option<string>)
    ensures WithEmail(WithToken(s, t), e) == WithToken(WithEmail(s, e), t)
    ensures WithEmail(WithFirstName(s, n), e) == WithFirstName(WithEmail(s, e), n)
    ensures WithFirstName(WithToken(s, t), n) == WithToken(WithFirstName(s, n), t)
  {
  }

  /** The `useTokenStore` store. */
  class TokenStore {
    var email: Option<string>
    var firstName: Option<string>
    var token: Option<string>

    function State(): TokenState
      reads this
    {
      TokenState(email, firstName, token)
    }

    constructor ()
      ensures State() == Initial
    {
      email, firstName, token := None, None, None;
    }

    method SetEmail(e: Option<string>)
      modifies this
      ensures State() == WithEmail(old(State()), e)
    {
      email := e;
    }

    method SetFirstName(n: Option<string>)
      modifies this
      ensures State() == WithFirstName(old(State()), n)
    {
      firstName := n;
    }

    method SetToken(t: Option<string>)
      modifies this
      ensures State() == WithToken(old(State()), t)
    {
      token := t;
    }
  }
}
