/**
 * The wire vocabulary of the backend (back/meetup_maker/api.py): the `Message`
 * integer enumeration, the dataclass records with their default field values,
 * and `serialize`, which turns a response into a JSON object.
 *
 * A JSON object is modelled as the ordered list of its (key, value) members, so
 * that the declaration order `json.dumps(asdict(...))` produces is visible; the
 * rendering of that list as text is not modelled.
 */
module Api {
  import opened Wrappers

  /** `Message(IntEnum)`: the kinds of request and response. */
  datatype Message = Invalid | Signup | Login | Token | Heartbeat | CreateEvent

  /** The integer value of each member. */
  function Code(m: Message): (c: int)
    ensures -1 <= c <= 4
  {
    match m
    case Invalid => -1
    case Signup => 0
    case Login => 1
    case Token => 2
    case Heartbeat => 3
    case CreateEvent => 4
  }

  /** `Message(c)`: the member whose value is `c`; `None` stands for the ValueError. */
  function FromCode(c: int): (r: Option<Message>)
    ensures r.Some? <==> -1 <= c <= 4
    ensures r.Some? ==> Code(r.value) == c
  {
    if c == -1 then Some(Invalid)
    else if c == 0 then Some(Signup)
    else if c == 1 then Some(Login)
    else if c == 2 then Some(Token)
    else if c == 3 then Some(Heartbeat)
    else if c == 4 then Some(CreateEvent)
    else None
  }

  /** Decoding inverts encoding. */
  lemma FromCodeOfCode(m: Message)
    ensures FromCode(Code(m)) == Some(m)
  {
  }

  /** Distinct members have distinct values. */
  lemma CodeInjective(a: Message, b: Message)
    ensures Code(a) == Code(b) ==> a == b
  {
    if Code(a) == Code(b) {
      FromCodeOfCode(a);
      FromCodeOfCode(b);
    }
  }

  /** The `User` dataclass: one row of the users table. */
  datatype User = User(firstName: string, lastName: string, email: string, kdf: string)

  /**
   * The `ClientSignup` dataclass with its defaults, including the `type` and
   * `uuid` fields it inherits from `ClientRequest`. Its `type` field is
   * redeclared with the default `SIGNUP`; `uuid` has no default here because
   * the source draws it from `uuid4()`.
   */
  datatype ClientSignup = ClientSignup(
    uuid: string,
    firstName: string := "John",
    lastName: string := "Doe",
    email: string := "johndoe@example.com",
    kdf: string := "",
    kind: Message := Signup)

  /**
   * The two response dataclasses. `ServerSignup` extends `ServerResponse`,
   * redeclaring the defaults of `type` and `ok` and adding `token`.
   */
  datatype Response =
    | ServerResponse(kind: Message, ok: bool := false, reason: Option<string> := None)
    | ServerSignup(kind: Message := Signup, ok: bool := true, reason: Option<string> := None, token: string := "")

  /** The dataclass defaults, as a caller that omits the defaulted fields sees them. */
  lemma Defaults(t: Message, why: string, uuid: string)
    ensures ServerResponse(t, reason := Some(why)).ok == false
    ensures ServerResponse(t).ok == false && ServerResponse(t).reason == None
    ensures ServerSignup() == ServerSignup(Signup, true, None, "")
    ensures ClientSignup(uuid).kind == Signup
    ensures ClientSignup(uuid) == ClientSignup(uuid, "John", "Doe", "johndoe@example.com", "", Signup)
  {
  }

  /** JSON values that responses contain. */
  datatype Json = JNull | JBool(b: bool) | JInt(i: int) | JString(s: string)

  /** A JSON object, member by member in emission order. */
  type JsonObject = seq<(string, Json)>

  function OptionalString(v: Option<string>): Json {
    match v
    case None => JNull
    case Some(s) => JString(s)
  }

  /** The member names of an object, in order. */
  function Keys(o: JsonObject): (ks: seq<string>)
    ensures |ks| == |o|
    ensures forall i :: 0 <= i < |o| ==> ks[i] == o[i].0
  {
    if o == [] then [] else [o[0].0] + Keys(o[1..])
  }

  /**
   * `serialize`: `json.dumps(asdict(self))`. The enumeration is written as its
   * integer value and `None` as `null`.
   */
  function Serialize(r: Response): (o: JsonObject)
    ensures Keys(o) == ["type", "ok", "reason"] + (if r.ServerSignup? then ["token"] else [])
  {
    var common := [("type", JInt(Code(r.kind))), ("ok", JBool(r.ok)), ("reason", OptionalString(r.reason))];
    if r.ServerSignup? then common + [("token", JString(r.token))] else common
  }

  /** Reads a `reason` member back: a string or `null`. */
  function ReadOptionalString(v: Json): Option<Option<string>> {
    match v
    case JNull => Some(None)
    case JString(s) => Some(Some(s))
    case _ => None
  }

  /**
   * Reads a serialized response back. Three members make a `ServerResponse`,
   * four (with a string `token`) a `ServerSignup`; anything else is refused.
   */
  function Deserialize(o: JsonObject): Option<Response> {
    if (|o| == 3 || |o| == 4) && Keys(o)[..3] == ["type", "ok", "reason"]
       && o[0].1.JInt? && FromCode(o[0].1.i).Some? && o[1].1.JBool?
       && ReadOptionalString(o[2].1).Some?
    then
      var kind, ok, reason := FromCode(o[0].1.i).value, o[1].1.b, ReadOptionalString(o[2].1).value;
      if |o| == 3 then Some(ServerResponse(kind, ok, reason))
      else if o[3].0 == "token" && o[3].1.JString? then Some(ServerSignup(kind, ok, reason, o[3].1.s))
      else None
    else None
  }

  /** Reading a serialized response gives back the response. */
  lemma SerializeRoundTrip(r: Response)
    ensures Deserialize(Serialize(r)) == Some(r)
  {
    var o := Serialize(r);
    FromCodeOfCode(r.kind);
    assert Keys(o)[..3] == ["type", "ok", "reason"];
  }
}
