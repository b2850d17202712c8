/** The two browser cookies the client keeps through js-cookie: `email` and `token`. */
module Cookies {
  import opened Wrappers

  /**
   * The text js-cookie stores for a value: `String(undefined)` is the
   * string "undefined".
   */
  function CookieText(v: Option<string>): (s: string)
    ensures v.Some? ==> s == v.value
    ensures v.None? ==> s == "undefined"
  {
    v.GetOr("undefined")
  }

  class CookieJar {
    var email: Option<string>
    var token: Option<string>

    /** The cookies the browser holds when the page loads. */
    constructor (email: Option<string>, token: Option<string>)
      ensures this.email == email && this.token == token
    {
      this.email := email;
      this.token := token;
    }
  }
}
